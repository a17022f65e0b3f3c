/** Optional values, results and the failure conditions of the codec. */
module Results {

  /** Kotlin's nullable values. */
  datatype Option<+T> = None | Some(value: T)

  /** Every exception the codec can raise, one constructor per cause. */
  datatype Error =
    | UnexpectedEndOfFile                          // IllegalArgumentException "Unexpected end of file"
    | UnexpectedCharacter(found: char, expected: char)
    | InvalidAttributeCharacter(c: char)           // '<' or '&' inside an attribute value
    | SubstringOutOfBounds                         // StringIndexOutOfBoundsException from substring
    | UnexpectedToken                              // IllegalStateException while reading content
    | NumberFormat                                 // String.toInt() and friends on unparsable text
    | NotSingleCharacter                           // String.single() on a text that is not one char
    | NullNotSupported                             // encodeNull
    | ListAnnotationOnNonList                      // check(kind == LIST) on a list annotation
    | UnsupportedElementKind                       // list element that is neither primitive nor structure
    | NegativeRepeatCount                          // String.repeat with a negative count

  datatype Result<+T> = Success(value: T) | Failure(error: Error)

  datatype Outcome = Pass | Fail(error: Error)
}
