/** Option and Result, and the ways a run of the uploader can end early.
    Each Error constructor stands for one exception the script lets escape
    (or one `sys.exit()` it calls) while building a release record. */
module Outcomes {

  datatype Option<+T> = None | Some(value: T)

  datatype Result<+T> = Ok(value: T) | Err(error: Error) {
    predicate IsFailure() {
      Err?
    }

    function PropagateFailure<U>(): Result<U>
      requires Err?
    {
      Err(error)
    }

    function Extract(): T
      requires Ok?
    {
      value
    }
  }

  datatype Error =
    /** A category that the dictionary does not hold was indexed (KeyError). */
    | UnknownCategory(category: string)
    /** A required tag read as None: the reader prints it and exits. */
    | MissingRequiredTag(tag: string)
    /** A tag value was indexed, iterated or measured while None or empty
        (TypeError, IndexError or AttributeError in the tag handling). */
    | TagUnavailable(tag: string)
    /** The audio library could not parse a file it was handed. */
    | UnreadableAudio(file: string)
    /** The per-entry tags were used before any audio file was read
        (UnboundLocalError on `tags`). */
    | NoTagsRead
    /** Both FLAC and MP3 files were found in one release directory. */
    | MixedFormat
    /** The resolver returned None and its result was indexed (TypeError). */
    | UnsubscriptableTranslation
    /** A None reached `','.join(...)` (TypeError). */
    | NullInJoin
    /** The saved description file named by the comment tag does not exist. */
    | LogNotFound(name: string)
    /** An operator prompt found no more input (EOFError). */
    | EndOfInput
}
