/**
 * The contract every level-entity parser shares: it turns a field bag into a
 * typed component, an error, or a panic (an `unwrap` on a number that is not
 * an i64).
 */
module ParseFields {

  /** The indexer's own error kinds. */
  datatype IndexingError = NoKnownType | InvalidParse

  /** Every error a parser can return. */
  datatype ParseError =
    | Indexing(kind: IndexingError)
      /** The spawn-point character names no known kind. */
    | NoStartEntityBinding(name: string)

  /** The outcome of a parser: a component, an error, or a panic. */
  datatype Parsed<+T> = Ok(value: T) | Err(error: ParseError) | Panic

  const INVALID_PARSE: ParseError := Indexing(InvalidParse)
}
