/**
 * A worked client of the template, on concrete data: a person with a birth name, a birth
 * year, a repeated hobby, a citizenship and a collection of spouses, and the country the
 * citizenship points to.
 */
module Scenario {
  import opened Wrappers
  import opened Rdf
  import opened Mapping
  import opened Matching
  import opened Loaders
  import opened Materialization
  import opened Template

  const Identity := PrefixMapping(s => s)

  /** Every literal converts, to the property's declared type with the literal's text. */
  const Converter := RdfJavaConverter((l: Literal, p: RdfProperty) => true,
                                      (l: Literal, p: RdfProperty) => JavaValue(p.typeName, l.lexicalForm))

  const BirthName := RdfProperty("birthName", "ex", "ex:birthName", Simple, "String")
  const BirthYear := RdfProperty("birthYear", "ex", "ex:birthYear", Simple, "Integer")
  const Hobby := RdfProperty("hobby", "ex", "ex:hobby", CollectionOfSimple, "String")
  const Citizenship := RdfProperty("citizenship", "ex", "ex:citizenship", Entity, "Country")
  const Spouse := RdfProperty("spouse", "ex", "ex:spouse", CollectionOfEntities, "Person")
  const CommonName := RdfProperty("commonName", "ex", "ex:commonName", Simple, "String")

  const Person := RdfEntity("Person", Identity, [BirthName, BirthYear, Hobby], [Citizenship, Spouse])
  const Country := RdfEntity("Country", Identity, [CommonName], [])

  function Text(s: string): Node { LiteralNode(Literal(s, "xsd:string", "")) }

  const PersonTriples := [
    Triple(UriNode("ex:Person1"), "ex:birthName", Text("Jane Doe")),
    Triple(UriNode("ex:Person1"), "ex:birthYear", LiteralNode(Literal("1980", "xsd:integer", ""))),
    Triple(UriNode("ex:Person1"), "ex:hobby", Text("chess")),
    Triple(UriNode("ex:Person1"), "ex:hobby", Text("reading")),
    Triple(UriNode("ex:Person1"), "ex:hobby", Text("chess")),
    Triple(UriNode("ex:Person1"), "ex:citizenship", UriNode("ex:CountryX")),
    Triple(UriNode("ex:Person1"), "ex:spouse", UriNode("ex:Person2"))
  ]

  const CountryTriples := [Triple(UriNode("ex:CountryX"), "ex:commonName", Text("Freedonia"))]

  function Endpoint(iri: Iri, prefixMap: PrefixMapping): seq<Triple> {
    if iri == "ex:Person1" then PersonTriples
    else if iri == "ex:CountryX" then CountryTriples
    else []
  }

  function Entities(typeName: TypeName): RdfEntity {
    if typeName == "Country" then Country else Person
  }

  /**
   * Triple i is the only one selected for p when it is selected, occurs once, and every
   * other triple carries another predicate.
   */
  lemma OnlyMatch(ts: seq<Triple>, p: RdfProperty, i: nat)
    requires i < |ts| && Selects(ts[i], p, Identity, Converter) && multiset(ts)[ts[i]] == 1
    requires forall j :: 0 <= j < |ts| && j != i ==> ts[j].predicateUri != p.qName
    ensures UniqueMatch(ts, p, Identity, Converter, ts[i])
  {
  }

  /** The birth name is the one "ex:birthName" triple of the person. */
  lemma BirthNameLoads()
    ensures SimpleValue("ex:Person1", PersonTriples, Person, BirthName, Converter)
         == Success(Single(JavaValue("String", "Jane Doe")))
  {
    OnlyMatch(PersonTriples, BirthName, 0);
    SimplePropertyLoaded("ex:Person1", PersonTriples, Person, BirthName, Converter, PersonTriples[0]);
  }

  /** The birth year is the one "ex:birthYear" triple of the person. */
  lemma BirthYearLoads()
    ensures SimpleValue("ex:Person1", PersonTriples, Person, BirthYear, Converter)
         == Success(Single(JavaValue("Integer", "1980")))
  {
    OnlyMatch(PersonTriples, BirthYear, 1);
    SimplePropertyLoaded("ex:Person1", PersonTriples, Person, BirthYear, Converter, PersonTriples[1]);
  }

  /** The triples selected for the hobbies are the three "ex:hobby" ones. */
  lemma HobbyTriples(t: Triple)
    requires t in PersonTriples && Selects(t, Hobby, Identity, Converter)
    ensures t == PersonTriples[2] || t == PersonTriples[3] || t == PersonTriples[4]
  {
    var i :| 0 <= i < |PersonTriples| && PersonTriples[i] == t;
  }

  /** "chess", "reading", "chess" give a set of two hobbies. */
  lemma HobbyLoads()
    ensures CollectionValue("ex:Person1", PersonTriples, Person, Hobby, Converter)
         == Success(ValueSet({JavaValue("String", "chess"), JavaValue("String", "reading")}))
  {
    var ts := PersonTriples;
    var collected := set t | t in ts && Selects(t, Hobby, Identity, Converter) && t.objectNode.LiteralNode?
                           :: Converter.convert(t.objectNode.literal, Hobby);
    forall v | v in collected ensures v == JavaValue("String", "chess") || v == JavaValue("String", "reading") {
      var t :| t in ts && Selects(t, Hobby, Identity, Converter) && t.objectNode.LiteralNode?
               && v == Converter.convert(t.objectNode.literal, Hobby);
      HobbyTriples(t);
    }
    assert ts[2] in ts && ts[3] in ts;
    assert JavaValue("String", "chess") in collected && JavaValue("String", "reading") in collected;
    assert collected == {JavaValue("String", "chess"), JavaValue("String", "reading")};
  }

  /** The citizenship is an unloaded handle for the country. */
  lemma CitizenshipLoads()
    ensures AssociationValue("ex:Person1", PersonTriples, Person, Citizenship, Converter)
         == Success(Reference(Handle("ex:CountryX", "Country")))
  {
    OnlyMatch(PersonTriples, Citizenship, 5);
    AssociationLoaded("ex:Person1", PersonTriples, Person, Citizenship, Converter, PersonTriples[5]);
  }

  /** The loaders loadProperties runs on the person's plain properties, and what they yield. */
  lemma PropertyLoaderResults()
    ensures PropertyLoader("ex:Person1", PersonTriples, Person, Converter)(BirthName)
         == Some(Success(Single(JavaValue("String", "Jane Doe"))))
    ensures PropertyLoader("ex:Person1", PersonTriples, Person, Converter)(BirthYear)
         == Some(Success(Single(JavaValue("Integer", "1980"))))
    ensures PropertyLoader("ex:Person1", PersonTriples, Person, Converter)(Hobby)
         == Some(Success(ValueSet({JavaValue("String", "chess"), JavaValue("String", "reading")})))
  {
    BirthNameLoads();
    BirthYearLoads();
    HobbyLoads();
  }

  /** The loaders loadProperties runs on the person's associations, and what they yield. */
  lemma AssociationLoaderResults()
    ensures AssociationLoader("ex:Person1", PersonTriples, Person, Converter)(Citizenship)
         == Some(Success(Reference(Handle("ex:CountryX", "Country"))))
    ensures AssociationLoader("ex:Person1", PersonTriples, Person, Converter)(Spouse) == None
  {
    CitizenshipLoads();
  }

  /**
   * The two passes over the person's properties, for any loaders giving these results:
   * every plain property and the citizenship assigned, the spouses skipped.
   */
  lemma PersonPasses(loadProperty: Loader, loadAssociation: Loader, out: Outcome,
                     name: PropertyValue, year: PropertyValue, hobbies: PropertyValue, citizenship: PropertyValue)
    requires loadProperty(BirthName) == Some(Success(name))
    requires loadProperty(BirthYear) == Some(Success(year))
    requires loadProperty(Hobby) == Some(Success(hobbies))
    requires loadAssociation(Citizenship) == Some(Success(citizenship))
    requires loadAssociation(Spouse) == None
    requires out == Pass(Pass(map[], Person.properties, loadProperty).values, Person.associations, loadAssociation)
    ensures Pass(map[], Person.properties, loadProperty).failure.None?
    ensures out == Outcome(map["birthName" := name, "birthYear" := year, "hobby" := hobbies, "citizenship" := citizenship],
                           None)
  {
    var ps := Person.properties;
    PassExtend(map[], ps, loadProperty, 0);
    PassExtend(map[], ps, loadProperty, 1);
    PassExtend(map[], ps, loadProperty, 2);
    assert ps[..3] == ps;
    var first := Pass(map[], ps, loadProperty);
    var associations := Person.associations;
    PassExtend(first.values, associations, loadAssociation, 0);
    PassExtend(first.values, associations, loadAssociation, 1);
    assert associations[..2] == associations;
  }

  /** loadProperties runs the association pass exactly when the property pass threw nothing. */
  lemma TwoPasses(iri: Iri, triples: seq<Triple>, entity: RdfEntity, converter: RdfJavaConverter, values: Values)
    requires Pass(values, entity.properties, PropertyLoader(iri, triples, entity, converter)).failure.None?
    ensures Materialize(iri, triples, entity, converter, values)
         == Pass(Pass(values, entity.properties, PropertyLoader(iri, triples, entity, converter)).values,
                 entity.associations, AssociationLoader(iri, triples, entity, converter))
  {
  }

  /** The values loadProperties leaves on a fresh person bean. */
  lemma PersonLoads()
    ensures Materialize("ex:Person1", PersonTriples, Person, Converter, map[])
         == Outcome(map["birthName" := Single(JavaValue("String", "Jane Doe")),
                        "birthYear" := Single(JavaValue("Integer", "1980")),
                        "hobby" := ValueSet({JavaValue("String", "chess"), JavaValue("String", "reading")}),
                        "citizenship" := Reference(Handle("ex:CountryX", "Country"))],
                    None)
  {
    var loadProperty := PropertyLoader("ex:Person1", PersonTriples, Person, Converter);
    var loadAssociation := AssociationLoader("ex:Person1", PersonTriples, Person, Converter);
    PropertyLoaderResults();
    AssociationLoaderResults();
    var out := Pass(Pass(map[], Person.properties, loadProperty).values, Person.associations, loadAssociation);
    PersonPasses(loadProperty, loadAssociation, out,
                 Single(JavaValue("String", "Jane Doe")), Single(JavaValue("Integer", "1980")),
                 ValueSet({JavaValue("String", "chess"), JavaValue("String", "reading")}),
                 Reference(Handle("ex:CountryX", "Country")));
    TwoPasses("ex:Person1", PersonTriples, Person, Converter, map[]);
  }

  /** The values loadProperties leaves on a fresh country bean. */
  lemma CountryLoads()
    ensures Materialize("ex:CountryX", CountryTriples, Country, Converter, map[])
         == Outcome(map["commonName" := Single(JavaValue("String", "Freedonia"))], None)
  {
    var loadProperty := PropertyLoader("ex:CountryX", CountryTriples, Country, Converter);
    var loadAssociation := AssociationLoader("ex:CountryX", CountryTriples, Country, Converter);
    SimplePropertyLoaded("ex:CountryX", CountryTriples, Country, CommonName, Converter, CountryTriples[0]);
    assert loadProperty(CommonName) == Some(Success(Single(JavaValue("String", "Freedonia"))));
    PassExtend(map[], Country.properties, loadProperty, 0);
    assert Country.properties[..1] == Country.properties;
    TwoPasses("ex:CountryX", CountryTriples, Country, Converter, map[]);
  }

  /**
   * Loading the person issues no query; loading its properties issues one and yields the
   * birth name, the birth year, the two distinct hobbies and an unloaded handle for the
   * country, and leaves the spouses unassigned; only loading the country's properties
   * issues the second query.
   */
  method PersonAndCountry() {
    var service := new SparqlQueryService(Endpoint);
    var template := new SparqlTemplate(service, Converter, Entities);

    var person := template.Load("ex:Person1", "Person");
    assert service.queries == 0;

    var personBean := new Bean(person.typeName);
    var failure := template.LoadProperties(person.iri, personBean);
    assert service.queries == 1;
    assert Entities(personBean.typeName) == Person;
    assert Endpoint(person.iri, Person.prefixMap) == PersonTriples;
    PersonLoads();
    assert failure == None;
    assert personBean.values == map["birthName" := Single(JavaValue("String", "Jane Doe")),
                                    "birthYear" := Single(JavaValue("Integer", "1980")),
                                    "hobby" := ValueSet({JavaValue("String", "chess"), JavaValue("String", "reading")}),
                                    "citizenship" := Reference(Handle("ex:CountryX", "Country"))];
    assert "spouse" !in personBean.values;

    var country := personBean.values["citizenship"].handle;
    var countryBean := new Bean(country.typeName);
    failure := template.LoadProperties(country.iri, countryBean);
    assert service.queries == 2;
    assert Entities(countryBean.typeName) == Country;
    assert Endpoint(country.iri, Country.prefixMap) == CountryTriples;
    CountryLoads();
    assert failure == None && countryBean.values == map["commonName" := Single(JavaValue("String", "Freedonia"))];
  }
}
