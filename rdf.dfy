/**
 * The parts of the RDF data model (as Jena presents it) that the template reads:
 * object nodes and triples.
 */
module Rdf {

  type Iri = string

  /** A literal: lexical form, datatype IRI and language tag ("" when untagged). */
  datatype Literal = Literal(lexicalForm: string, datatypeIri: Iri, language: string)

  /**
   * An object node. Jena's Node is a URI, a literal or a blank node; only the first two
   * are ever accepted by the template (Node.isURI / Node.isLiteral).
   */
  datatype Node =
    | LiteralNode(literal: Literal)
    | UriNode(uri: Iri)
    | BlankNode(blankId: string)

  /** A statement about one subject; the predicate is kept as its URI string. */
  datatype Triple = Triple(subject: Node, predicateUri: Iri, objectNode: Node)
}
