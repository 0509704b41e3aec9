/** Failure-compatible result types. Every exception the reader can raise
    becomes an `Err` carrying one of the `Error` kinds below. */
module Wrappers {

  datatype Option<+T> = None | Some(value: T)

  /** The exceptions of the reader, one constructor per distinct cause. */
  datatype Error =
    | OutOfRange             // a read past the end of the file's bytes
    | NullReference          // a structure the reader never located (not a PE file, no stream)
    | InvalidRva             // "Module: Invalid RVA address."
    | BadSignature           // "MetaData:  Incorrect signature."
    | UnknownStream          // "Unknown blob: ..."
    | HeapOffsetOutOfRange   // string, blob or GUID offset out of range
    | UnexpectedResourceName // "Unexpected resource name"
    | UnknownVersionTable    // "Unknown VersionFileInfo table"
    | NotADirectory          // "Trying to directory recurse in a leaf resource"
    | NotADataEntry          // "This is not a data entry"
    | NoSuchTable            // "MDTables:  No such table"
    | BadTableIndex          // "MDHelper:  Tried to get length of nonexistant table"
    | InvalidTokenType       // "Table:  Sizeof invalid token type." / "Unknown type to read"
    | IndexOutOfRange        // a coded-token tag past the end of its table list
    | FileNotFound           // the file could not be opened

  datatype Result<+T> = Ok(value: T) | Err(error: Error) {
    predicate IsFailure() { Err? }

    function PropagateFailure<U>(): Result<U>
      requires Err?
    {
      Err(error)
    }

    function Extract(): T
      requires Ok?
    {
      value
    }
  }

  /** A decoded value together with the offset just past it: the position a
      cursor-based reader is left at. */
  datatype Parsed<+T> = Parsed(value: T, next: nat)

  /** Drops the final cursor position of a parse. */
  function Value<T>(r: Result<Parsed<T>>): Result<T> {
    match r
    case Ok(p) => Ok(p.value)
    case Err(e) => Err(e)
  }
}
