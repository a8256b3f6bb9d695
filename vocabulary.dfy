/**
 * What the metrics ask of the vocabulary service and of Jena about a term.
 * The answers come from vocabularies fetched over the network, so they
 * enter the model as total functions from a term's URI.
 */
module Vocabulary {

  /** VocabularyLoader.checkTerm: the term's vocabulary defines it. */
  type TermCheck = string -> bool

  /** Resource.getNameSpace: the namespace part Jena splits off a URI. */
  type NameSpaceOf = string -> string

  /**
   * A question VocabularyLoader answers about a term from its vocabulary:
   * isClass, isProperty, isDeprecatedTerm, isObjectProperty,
   * isDatatypeProperty or isInverseFunctionalProperty.
   */
  type TermKind = string -> bool
}
