/**
  The application's `Language` enumeration (declared outside the translation
  files). EN, IT, FR and ES have arms of their own in the catalog modelled
  here; the remaining variants stand for every language that reaches the
  wildcard arm of a `match`.
 */
module Languages {

  datatype Language = EN | IT | FR | ES | PL | DE | UK | ZH | RO | KO

  /** The languages the catalog in `translations_3.rs` writes arms for. */
  predicate Named(language: Language) {
    language in {EN, IT, FR, ES}
  }
}
