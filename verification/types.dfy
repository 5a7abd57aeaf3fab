/** Values shared by the playlist store and the generation step: the
    Option/Result wrappers, the service's error vocabulary, the success
    messages and the playlist document itself. */
module Types {

  datatype Option<+T> = None | Some(value: T)

  /** Rust's Result: a value or an error. */
  datatype Result<+T, +E> = Ok(value: T) | Err(error: E)

  /** Why a call answered ServiceError::Conflict; the source carries a
      human-readable string, the model keeps only which situation it was. */
  datatype ConflictReason =
    | Undecodable                 // read found a file the JSON reader rejects
    | AlreadyExists(date: string) // write found an equal document in place
    | NothingGenerated            // the generator produced no playlist

  /** The variants of ServiceError this core produces itself. The path
      normaliser may answer any ServiceError; generation passes it on. */
  datatype ServiceError =
    | NoContent
    | Conflict(reason: ConflictReason)
    | InternalServerError

  /** The success messages, reduced to which message and for which date. */
  datatype Message =
    | Written(date: string)          // "Write playlist from {date} success!"
    | Updated(date: string)          // "Update playlist from {date} success!"
    | Deleted(date: string)          // "Delete playlist from {date} success!"
    | NothingToDelete(date: string)  // "No playlist to delete on: {date}"

  /** Outcome of one filesystem call the model does not look inside
      (the JSON writer, file removal). */
  datatype IoOutcome = Done | Failed

  /** A playlist document. Only its date is read by this core; `program`
      stands for every other field, and document equality is plain value
      equality of the whole record. */
  datatype Playlist = Playlist(date: string, program: seq<string>)
}
