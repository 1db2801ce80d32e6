/**
 * Selecting, among the triples returned for a subject, those that belong to one property
 * (SparqlTemplate.filterForProperty).
 */
module Matching {
  import opened Rdf
  import opened Mapping

  /**
   * The selection test applied to each triple: the expanded predicate must be the
   * property's qualified name, and the object must be a URI for an entity-valued property,
   * or a literal the converter accepts for a simple property or a collection of simple
   * properties. A property of any other kind selects nothing.
   */
  predicate Selects(t: Triple, p: RdfProperty, prefixMap: PrefixMapping, converter: RdfJavaConverter)
    ensures Selects(t, p, prefixMap, converter) ==> prefixMap.expandPrefix(t.predicateUri) == p.qName
    ensures Selects(t, p, prefixMap, converter) ==> !t.objectNode.BlankNode?
    ensures p.kind.Other? ==> !Selects(t, p, prefixMap, converter)
  {
    if prefixMap.expandPrefix(t.predicateUri) == p.qName then
      if p.kind.IsEntity() then
        t.objectNode.UriNode?
      else if p.kind.IsSimpleProperty() || p.kind.IsCollectionOfSimple() then
        t.objectNode.LiteralNode? && converter.canConvert(t.objectNode.literal, p)
      else
        false
    else
      false
  }

  /**
   * The triples selected for property p, in their original order: a sub-collection of the
   * input holding exactly the input's selected triples.
   */
  function FilterForProperty(triples: seq<Triple>, p: RdfProperty, prefixMap: PrefixMapping,
                             converter: RdfJavaConverter): (r: seq<Triple>)
    ensures |r| <= |triples|
    ensures forall t :: t in r <==> t in triples && Selects(t, p, prefixMap, converter)
  {
    if triples == [] then
      []
    else
      var rest := FilterForProperty(triples[1..], p, prefixMap, converter);
      assert triples == [triples[0]] + triples[1..];
      if Selects(triples[0], p, prefixMap, converter) then [triples[0]] + rest else rest
  }

  /**
   * Multiplicities: the selection holds each selected triple exactly as often as the
   * input does, and no other triple.
   */
  lemma {:induction false} FilterMultiplicity(triples: seq<Triple>, p: RdfProperty, prefixMap: PrefixMapping,
                                              converter: RdfJavaConverter, t: Triple)
    ensures multiset(FilterForProperty(triples, p, prefixMap, converter))[t]
         == if Selects(t, p, prefixMap, converter) then multiset(triples)[t] else 0
  {
    if triples != [] {
      assert triples == [triples[0]] + triples[1..];
      FilterMultiplicity(triples[1..], p, prefixMap, converter, t);
    }
  }

  /**
   * What every kept triple looks like: it carries p's predicate, and its object is a URI
   * for an entity-valued property and a convertible literal for a simple property or a
   * collection of simple properties; a property of any other kind keeps nothing.
   */
  lemma FilterKeepsOnlyMatches(triples: seq<Triple>, p: RdfProperty, prefixMap: PrefixMapping,
                               converter: RdfJavaConverter)
    ensures var r := FilterForProperty(triples, p, prefixMap, converter);
      && (forall t :: t in r ==> prefixMap.expandPrefix(t.predicateUri) == p.qName)
      && (p.kind.IsEntity() ==> forall t :: t in r ==> t.objectNode.UriNode?)
      && (p.kind.IsSimpleProperty() || p.kind.IsCollectionOfSimple() ==>
            forall t :: t in r ==> t.objectNode.LiteralNode? && converter.canConvert(t.objectNode.literal, p))
      && (p.kind.Other? ==> r == [])
  {
  }

  /** Filtering a concatenation filters each part. */
  lemma {:induction false} FilterConcat(a: seq<Triple>, b: seq<Triple>, p: RdfProperty,
                                        prefixMap: PrefixMapping, converter: RdfJavaConverter)
    ensures FilterForProperty(a + b, p, prefixMap, converter)
         == FilterForProperty(a, p, prefixMap, converter) + FilterForProperty(b, p, prefixMap, converter)
  {
    if a != [] {
      assert (a + b)[1..] == a[1..] + b;
      assert (a + b)[0] == a[0];
      FilterConcat(a[1..], b, p, prefixMap, converter);
    } else {
      assert a + b == b;
    }
  }

  /**
   * A literal the converter cannot convert is invisible to a simple property or a
   * collection of simple properties: inserting such a triple anywhere leaves the
   * selection unchanged, so it can only show up later as a missing match, never as a
   * conversion error.
   */
  lemma UnconvertibleLiteralIsIgnored(a: seq<Triple>, t: Triple, b: seq<Triple>, p: RdfProperty,
                                      prefixMap: PrefixMapping, converter: RdfJavaConverter)
    requires p.kind.IsSimpleProperty() || p.kind.IsCollectionOfSimple()
    requires t.objectNode.LiteralNode? && !converter.canConvert(t.objectNode.literal, p)
    ensures FilterForProperty(a + [t] + b, p, prefixMap, converter) == FilterForProperty(a + b, p, prefixMap, converter)
  {
    FilterConcat(a + [t], b, p, prefixMap, converter);
    FilterConcat(a, [t], p, prefixMap, converter);
    FilterConcat(a, b, p, prefixMap, converter);
    assert FilterForProperty([t], p, prefixMap, converter) == [];
  }

  /**
   * t is the one and only triple of the input selected for p: it occurs once, and every
   * selected triple is t.
   */
  predicate UniqueMatch(triples: seq<Triple>, p: RdfProperty, prefixMap: PrefixMapping,
                        converter: RdfJavaConverter, t: Triple) {
    && t in triples
    && Selects(t, p, prefixMap, converter)
    && multiset(triples)[t] == 1
    && forall u :: u in triples && Selects(u, p, prefixMap, converter) ==> u == t
  }

  /** A sequence whose members all equal t is t repeated: its length is t's multiplicity. */
  lemma {:induction false} AllEqualLength(s: seq<Triple>, t: Triple)
    requires forall u :: u in s ==> u == t
    ensures |s| == multiset(s)[t]
  {
    if s != [] {
      assert s == [s[0]] + s[1..];
      assert s[0] in s;
      forall u | u in s[1..] ensures u == t {
        assert u in s;
      }
      AllEqualLength(s[1..], t);
      assert multiset(s) == multiset{s[0]} + multiset(s[1..]);
    }
  }

  /**
   * The selection has exactly one element precisely when exactly one triple of the input
   * is selected, and then the selection is that triple.
   */
  lemma ExactlyOneMatch(triples: seq<Triple>, p: RdfProperty, prefixMap: PrefixMapping,
                        converter: RdfJavaConverter, t: Triple)
    ensures FilterForProperty(triples, p, prefixMap, converter) == [t]
        <==> UniqueMatch(triples, p, prefixMap, converter, t)
  {
    var r := FilterForProperty(triples, p, prefixMap, converter);
    FilterMultiplicity(triples, p, prefixMap, converter, t);
    if r == [t] {
      assert multiset(r)[t] == 1;
      assert t in r;
    }
    if UniqueMatch(triples, p, prefixMap, converter, t) {
      assert forall u :: u in r ==> u == t;
      AllEqualLength(r, t);
      assert |r| == 1;
      assert r[0] in r;
    }
  }
}
