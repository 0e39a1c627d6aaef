/** The two result shapes used throughout: a value that may be missing, and an
    operation that either returns a value or is refused. */
module Options {

  datatype Option<+T> = None | Some(value: T)

  /** The refusals of the service layer, named after the error codes it raises. */
  datatype ApiError =
    | NotFound
    | RecipientNotFound
    | InvalidTransition
    | DuplicateJob
    | DuplicateRecipe
    | CannotDeleteDefault
    | LastPlacement
    | ValidationError
    | AlreadyMerged
    | InvalidMerge

  datatype Result<+T> = Success(value: T) | Failure(error: ApiError)
}
